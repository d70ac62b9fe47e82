# Message store: file store, cache decorator and façade

This project models the integer-keyed text store of the `CodeExamples`
sample: a `FileStore` that keeps message `id` in the file
`<workingDirectory>/<id>.txt`, a `StoreCache` decorator that keeps the last
message seen per id in memory, and a `MessageStore` façade that forwards
saves to a writer, reads to a reader and location lookups to a file locator.

Files and modules:

- `maybe.dfy`: `Maybes.Maybe<T>` (the source's `Maybe<T>`: `Nothing` or `Just(v)`), and
  `Errors` (`ArgumentNullException` / `ArgumentException` as an `Error` datatype, and
  `Result<T>` for a constructor that either builds an object or throws).
- `paths.dfy`: `Paths`, the path derivation of `FileStore.GetFileInfo`: decimal text of an
  `int`, the `.txt` name, `Path.Combine`, and an inverse `IdOfPath` from which injectivity follows.
- `disk.dfy`: `Disk`, the file system as one object holding the set of existing directories and a
  map from full path to file text; `DirectoryInfo` (nullable, as in C#) and `FileInfo` handles.
- `file_store.dfy`: `FileStores`, the `FileStore` class plus map-level specification
  functions (`StoredMessage`, `SavedFiles`) and the read-after-write / other-ids lemmas.
- `store_cache.dfy`: `StoreCaches`, the `StoreCache` class (its source is
  `Session 1 (Foundations of Solid)/StoreCache.cs`; the table cites the unit tests that
  exercise it and names the StoreCache.cs lines in the third column), the specification of its reads
  and saves as functions on its map, and the invariants "absence is never cached" and
  "cache agrees with the files".
- `message_store.dfy`: `MessageStores`, the façade. The C# interfaces `IStoreWriter`,
  `IStoreReader` become the sum types `Writer` and `Reader` over the modelled implementers
  (`FileStore`, `StoreCache`); the only `IFileLocator` implementer shown is `FileStore`.
  A null argument is `Nothing` (or a null `FileStore?`).
- `message_store_unit_tests.dfy`: `MessageStoreUnitTests`, the tests' wiring
  (`CreateMessageStore`) and the cache and read tests as methods whose postconditions are
  the tests' assertions, for every id and message rather than the tests' fixed ids.

The C# constructors that throw are modelled by static `Create` methods returning a
`Result`: `Err` carries the exception, in the order the source checks its arguments.
The façade's three collaborators and the file store's directory are `const` fields,
matching the source's `readonly` fields: they hold exactly the constructor's arguments and
never change.

Ids are any `int`, negative ones included (`-5.txt`). A missing collaborator raises
`ArgumentNullException` naming the parameter.

## Model

| member | source | states |
|---|---|---|
| Paths.NatToDecimal | CodeExamples/FileStore.cs:42 | the decimal text of an id's magnitude is non-empty, all digits, and starts with '0' only for zero |
| Paths.IntToDecimal | CodeExamples/FileStore.cs:42 | the text of an id starts with '-' exactly when the id is negative, and is digits after that |
| Paths.DecimalRoundTrip | CodeExamples/FileStore.cs:42 | reading the decimal text of a natural number back yields that number |
| Paths.IntDecimalRoundTrip | CodeExamples/FileStore.cs:42 | reading the signed decimal text of any id back yields that id |
| Paths.FileName | CodeExamples/FileStore.cs:42 | the name `id + ".txt"` contains no directory separator, so the file lies directly in the working directory |
| Paths.PathRoundTrip | CodeExamples/FileStore.cs:39-43 | the path of `id` starts with the working directory (plus separator) and decodes back to `id` |
| Paths.PathOfInjective | CodeExamples/FileStore.cs:41-42 | two ids, negative ones included, get the same path if and only if they are equal |
| FileStores.CheckWorkingDirectory | CodeExamples/FileStore.cs:16-19 | a null directory gives ArgumentNull("workingDirectory"); a non-existent one gives Argument("Boo", "workingDirectory"); otherwise no error |
| FileStores.FileStore.Create | CodeExamples/FileStore.cs:14-22 | construction fails with exactly that error, at construction; otherwise a new store on that directory |
| FileStores.FileStore.GetFileInfo | CodeExamples/FileStore.cs:39-43 | the file is `Path.Combine(workingDirectory, id + ".txt")` and decodes back to `id` |
| FileStores.FileStore.Save | CodeExamples/FileStore.cs:24-28 | the file of `id` now holds exactly the message; no other file and no directory changes |
| FileStores.FileStore.Read | CodeExamples/FileStore.cs:30-37 | the result is present if and only if the file of `id` exists, and then holds the file's whole text |
| FileStores.ReadAfterSave | CodeExamples/FileStore.cs:24-37 | a read right after `Save(id, m)` returns `m` |
| FileStores.SaveOverwrites | CodeExamples/FileStore.cs:26-27 | a second save of the same id replaces the first wholesale |
| FileStores.SaveLeavesOtherIds | CodeExamples/FileStore.cs:26-27 | saving `id` leaves what every other id reads unchanged |
| StoreCaches.StoreCache.constructor | CodeExamples/MessageStoreUnitTests.cs:211 | (StoreCache.cs lines 16-21) a new cache holds the given writer and reader and starts with no entries, so nothing, and in particular no miss, is cached |
| StoreCaches.StoreCache.Save | CodeExamples/MessageStoreUnitTests.cs:173-184 | (StoreCache.cs lines 23-28) writes through to the writer, then the cache entry for `id` is the message; a cache holding no empty Maybe still holds none |
| StoreCaches.StoreCache.Read | CodeExamples/MessageStoreUnitTests.cs:157-197 | (StoreCache.cs lines 30-41) a cached entry is returned without consulting the reader; on a miss the reader's result is returned and cached only when present; a cache holding no empty Maybe still holds none |
| StoreCaches.OnlyHitsPreserved | CodeExamples/MessageStoreUnitTests.cs:186-197 | (StoreCache.cs lines 36-38) saves and reads never put an empty Maybe in the cache |
| StoreCaches.CoherentAfterSave | CodeExamples/MessageStoreUnitTests.cs:173-184 | (StoreCache.cs lines 23-28) when the cache writes to the files it reads, a save keeps every cached entry equal to what the files hold |
| StoreCaches.CoherentRead | CodeExamples/MessageStoreUnitTests.cs:17-26 | (StoreCache.cs lines 30-41) with a coherent cache a read returns exactly what the files hold, and the cache stays coherent |
| StoreCaches.CacheIsAuthoritative | CodeExamples/MessageStoreUnitTests.cs:157-171 | (StoreCache.cs lines 33-34) after a file is overwritten behind the cache, a cached id still reads its cached entry; an uncached id reads the new text |
| MessageStores.CheckCollaborators | CodeExamples/MessageStore.cs:22-27 | no error if and only if all three collaborators are given; otherwise ArgumentNull naming the first missing one in the order writer, reader, fileLocator |
| MessageStores.MessageStore.Create | CodeExamples/MessageStore.cs:17-32 | construction fails with that error; otherwise a new façade whose three fields are exactly the arguments |
| MessageStores.MessageStore.Save | CodeExamples/MessageStore.cs:34-37 | exactly the writer's save happens; only the writer's objects may change |
| MessageStores.MessageStore.Read | CodeExamples/MessageStore.cs:39-42 | the result is the reader's result for `id`, unchanged; only the reader's objects may change |
| MessageStores.MessageStore.GetFileInfo | CodeExamples/MessageStore.cs:44-47 | the result is the locator's file for `id`, whatever the writer and reader are |
| MessageStoreUnitTests.CreateMessageStore | CodeExamples/MessageStoreUnitTests.cs:205-218 | builds a file store on the current directory, a cache over it, and a façade writing and reading through the cache and locating through the file store |
| MessageStoreUnitTests.GetFileFileReturnsCorrectResult | CodeExamples/MessageStoreUnitTests.cs:28-39 | through the wired store, the file of `id` is `Path.Combine(currentDirectory, id + ".txt")` |
| MessageStoreUnitTests.ConstructWithNullDirectoryThrows | CodeExamples/MessageStoreUnitTests.cs:41-49 | a file store on a null directory fails with ArgumentNull |
| MessageStoreUnitTests.ConstructWithInvalidDirectoryThrows | CodeExamples/MessageStoreUnitTests.cs:51-60 | a file store on a directory that does not exist fails with Argument |
| MessageStoreUnitTests.ReadReturnsMessage | CodeExamples/MessageStoreUnitTests.cs:17-26 | through the wired store, `Save(id, m)` then `Read(id)` gives a present value equal to `m` (also the assertion of the tests at lines 62-83) |
| MessageStoreUnitTests.ReadNonExistingFileReturnsFalse | CodeExamples/MessageStoreUnitTests.cs:85-93 | a fresh wired store reads an empty Maybe for an id with no file |
| MessageStoreUnitTests.ReadReadsFromCache | CodeExamples/MessageStoreUnitTests.cs:157-171 | after save and read, overwriting the file behind the store does not change the next read |
| MessageStoreUnitTests.SaveShouldInvalidateCache | CodeExamples/MessageStoreUnitTests.cs:173-184 | save, read, save again: the next read returns the second message |
| MessageStoreUnitTests.ReadReadsThroughOnCacheMiss | CodeExamples/MessageStoreUnitTests.cs:186-197 | a file written directly, never saved through the store, is read back through it |
| MessageStoreUnitTests.MissIsNotCached | CodeExamples/MessageStoreUnitTests.cs:186-197 | (StoreCache.cs lines 36-38) a read that finds nothing is not remembered: a file written afterwards behind the store is seen by the next read |

## Left out

- File-system I/O: text encodings, `FullName` normalisation, Windows separators, and I/O exceptions from `File.WriteAllText` / `File.ReadAllText` (a working directory removed after construction, for one). The file system is a set of directory names and a map from full path to text. The separator is '/'.
- `Path.Combine` with a rooted or empty second argument is not modelled. The name `id + ".txt"` is never empty and never rooted: it starts with a digit or '-'.
- Ids are C# 32-bit `int`s, modelled as unbounded `int`s. No arithmetic is done on them, so the width does not matter. `Int32.ToString` is taken to use '-' as the negative sign, whatever the culture.
- The logging decorator (`StoreLogger`) and the logging tests (MessageStoreUnitTests.cs lines 95-155): log records go to an external logging library. The tests' wiring places the logger between the façade and the cache. It forwards every save and returns the reader's result unchanged, so the wiring is modelled as façade, then cache, then file store.
- Other `IStoreWriter` / `IStoreReader` implementers: `SqlStore` (a stub) and `StoreLogger`. Dafny traits are not used, so the interfaces are closed sum types over `FileStore` and `StoreCache`.
- StoreCaches.StoreCache.Save: the cache wraps `FileStore`s only; a cache over another decorator is not modelled.
- Messages are non-null: Dafny strings cannot be null. In C# a null message is saved as an empty file by `FileStore`, but `StoreCache` caches it as given.
- `StoreCache` does not check its collaborators for null; in the model they are non-null references.
- The thread safety of `ConcurrentDictionary`: all calls are sequential, and the cache is a `map` field.
- `SpySink` (a logging test double), the `Maybe<T>` class itself (only its presence test `Any()` is used), and the AutoFixture / xUnit scaffolding.
