/** StoreCache: a decorator that keeps an in-memory map from id to the last
    message seen, in front of a writer and a reader. Presence is cached,
    absence is not. */
module StoreCaches {
  import opened Maybes
  import opened Paths
  import opened Disk
  import opened FileStores

  type Cache = map<int, Maybe<string>>

  /** The cache after `Save(id, message)`: the entry for `id` is replaced. */
  function CacheAfterSave(cache: Cache, id: int, message: string): Cache {
    cache[id := Just(message)]
  }

  /** What `Read(id)` returns, given what the wrapped reader would return. */
  function CachedRead(cache: Cache, id: int, backend: Maybe<string>): Maybe<string> {
    if id in cache then cache[id] else backend
  }

  /** The cache after `Read(id)`: a miss that the reader answers is recorded. */
  function CacheAfterRead(cache: Cache, id: int, backend: Maybe<string>): Cache {
    if id in cache then cache else if backend.Any() then cache[id := backend] else cache
  }

  /** The cache never holds an empty Maybe: absence is not cached. */
  ghost predicate OnlyHits(cache: Cache) {
    forall id :: id in cache ==> cache[id].Any()
  }

  /** Every cached entry agrees with what the backing files hold. */
  ghost predicate Coherent(cache: Cache, files: map<string, string>, directory: string) {
    forall id :: id in cache ==> cache[id] == StoredMessage(files, directory, id)
  }

  lemma OnlyHitsPreserved(cache: Cache, id: int, message: string, backend: Maybe<string>)
    requires OnlyHits(cache)
    ensures OnlyHits(CacheAfterSave(cache, id, message))
    ensures OnlyHits(CacheAfterRead(cache, id, backend))
  {
  }

  /** Saving through the cache onto the files it reads keeps the two in agreement. */
  lemma CoherentAfterSave(cache: Cache, files: map<string, string>, directory: string, id: int, message: string)
    requires Coherent(cache, files, directory)
    ensures Coherent(CacheAfterSave(cache, id, message), SavedFiles(files, directory, id, message), directory)
  {
    var cache', files' := CacheAfterSave(cache, id, message), SavedFiles(files, directory, id, message);
    forall other | other in cache'
      ensures cache'[other] == StoredMessage(files', directory, other)
    {
      if other == id {
        ReadAfterSave(files, directory, id, message);
      } else {
        SaveLeavesOtherIds(files, directory, id, other, message);
      }
    }
  }

  /** A coherent cache is transparent: a read returns exactly what the files
      hold, and the cache stays coherent. */
  lemma CoherentRead(cache: Cache, files: map<string, string>, directory: string, id: int)
    requires Coherent(cache, files, directory)
    ensures CachedRead(cache, id, StoredMessage(files, directory, id)) == StoredMessage(files, directory, id)
    ensures Coherent(CacheAfterRead(cache, id, StoredMessage(files, directory, id)), files, directory)
  {
  }

  /** A file changed behind the cache's back is not seen while `id` is cached,
      and is seen on the next read while `id` is not cached. */
  lemma CacheIsAuthoritative(cache: Cache, files: map<string, string>, directory: string, id: int, text: string)
    ensures id in cache ==>
      CachedRead(cache, id, StoredMessage(files[PathOf(directory, id) := text], directory, id)) == cache[id]
    ensures id !in cache ==>
      CachedRead(cache, id, StoredMessage(files[PathOf(directory, id) := text], directory, id)) == Just(text)
  {
  }

  class StoreCache {
    var cache: Cache
    const writer: FileStore
    const reader: FileStore

    constructor (writer: FileStore, reader: FileStore)
      ensures this.writer == writer && this.reader == reader
      ensures cache == map[] && OnlyHits(cache)
    {
      this.cache := map[];
      this.writer := writer;
      this.reader := reader;
    }

    /** Writes through, then records the message as the entry for `id`. */
    method Save(id: int, message: string)
      modifies this, writer.workingDirectory.fileSystem
      ensures writer.workingDirectory.fileSystem.files
           == SavedFiles(old(writer.workingDirectory.fileSystem.files), writer.workingDirectory.fullName, id, message)
      ensures writer.workingDirectory.fileSystem.directories == old(writer.workingDirectory.fileSystem.directories)
      ensures cache == CacheAfterSave(old(cache), id, message)
      ensures old(OnlyHits(cache)) ==> OnlyHits(cache)
    {
      writer.Save(id, message);
      var m := Just(message);
      cache := cache[id := m];
    }

    /** Serves `id` from the cache, else reads through and caches a present result. */
    method Read(id: int) returns (r: Maybe<string>)
      modifies this
      ensures r == CachedRead(old(cache), id, reader.Stored(id))
      ensures cache == CacheAfterRead(old(cache), id, reader.Stored(id))
      ensures old(OnlyHits(cache)) ==> OnlyHits(cache)
    {
      if id in cache {
        return cache[id];
      }
      r := reader.Read(id);
      if r.Any() {
        cache := cache[id := r];
      }
    }
  }
}
