/** The unit tests' wiring and scenarios, stated as methods whose
    postconditions are the tests' assertions, for every id and message. */
module MessageStoreUnitTests {
  import opened Maybes
  import opened Errors
  import opened Paths
  import opened Disk
  import opened FileStores
  import opened StoreCaches
  import opened MessageStores

  /** The tests' composition: one FileStore, a StoreCache over it for both
      writing and reading, the façade saving and reading through the cache
      and locating files through the FileStore directly. */
  ghost predicate IsTestWiring(store: MessageStore) {
    store.writer.CacheWriter?
    && store.reader == CacheReader(store.writer.cache)
    && store.writer.cache.writer == store.fileLocator
    && store.writer.cache.reader == store.fileLocator
  }

  /** `CreateMessageStore`, rooted at the current directory. */
  method CreateMessageStore(fileSystem: FileSystem, currentDirectory: string) returns (store: MessageStore)
    requires currentDirectory in fileSystem.directories
    ensures IsTestWiring(store) && fresh(store.writer.cache)
    ensures store.writer.cache.cache == map[]
    ensures store.fileLocator.workingDirectory.fileSystem == fileSystem
    ensures store.fileLocator.workingDirectory.fullName == currentDirectory
  {
    var directory := new DirectoryInfo(fileSystem, currentDirectory);
    var created := FileStore.Create(directory);
    var fileStore := created.value;
    var cache := new StoreCache(fileStore, fileStore);
    var composed := MessageStore.Create(Just(CacheWriter(cache)), Just(CacheReader(cache)), fileStore);
    store := composed.value;
  }

  /** The façade locates message `id` at `<current directory>/<id>.txt`. */
  method GetFileFileReturnsCorrectResult(fileSystem: FileSystem, currentDirectory: string, id: int)
    returns (actual: string)
    requires currentDirectory in fileSystem.directories
    ensures actual == Combine(currentDirectory, FileName(id))
  {
    var msgStore := CreateMessageStore(fileSystem, currentDirectory);
    actual := msgStore.GetFileInfo(id).fullName;
  }

  method ConstructWithNullDirectoryThrows() returns (r: Result<FileStore>)
    ensures r == Err(ArgumentNull("workingDirectory"))
  {
    r := FileStore.Create(null);
  }

  method ConstructWithInvalidDirectoryThrows(fileSystem: FileSystem, invalidDirectory: string)
    returns (r: Result<FileStore>)
    requires invalidDirectory !in fileSystem.directories
    ensures r == Err(Argument("Boo", "workingDirectory"))
  {
    var directory := new DirectoryInfo(fileSystem, invalidDirectory);
    r := FileStore.Create(directory);
  }

  /** Read-after-write through the whole chain. */
  method ReadReturnsMessage(fileSystem: FileSystem, currentDirectory: string, id: int, expected: string)
    returns (actual: Maybe<string>)
    requires currentDirectory in fileSystem.directories
    modifies fileSystem
    ensures actual.Any() && actual == Just(expected)
  {
    var msgStore := CreateMessageStore(fileSystem, currentDirectory);
    msgStore.Save(id, expected);
    actual := msgStore.Read(id);
  }

  /** A fresh store finds nothing for an id whose file does not exist. */
  method ReadNonExistingFileReturnsFalse(fileSystem: FileSystem, currentDirectory: string, id: int)
    returns (actual: Maybe<string>)
    requires currentDirectory in fileSystem.directories
    requires PathOf(currentDirectory, id) !in fileSystem.files
    modifies fileSystem
    ensures !actual.Any()
  {
    var msgStore := CreateMessageStore(fileSystem, currentDirectory);
    actual := msgStore.Read(id);
  }

  /** Cache authority: once read, an entry is served from memory even after
      the file is overwritten behind the store's back. */
  method ReadReadsFromCache(fileSystem: FileSystem, currentDirectory: string, id: int,
                            shouldBeCached: string, backDoorMessage: string)
    returns (actual: Maybe<string>)
    requires currentDirectory in fileSystem.directories
    modifies fileSystem
    ensures actual == Just(shouldBeCached)
    ensures StoredMessage(fileSystem.files, currentDirectory, id) == Just(backDoorMessage)
  {
    var msgStore := CreateMessageStore(fileSystem, currentDirectory);
    msgStore.Save(id, shouldBeCached);
    var _ := msgStore.Read(id);
    var file := msgStore.GetFileInfo(id);
    fileSystem.WriteAllText(file.fullName, backDoorMessage);
    actual := msgStore.Read(id);
  }

  /** Write invalidation: a later save replaces the cached entry. */
  method SaveShouldInvalidateCache(fileSystem: FileSystem, currentDirectory: string, id: int,
                                   message1: string, expected: string)
    returns (actual: Maybe<string>)
    requires currentDirectory in fileSystem.directories
    modifies fileSystem
    ensures actual == Just(expected)
  {
    var msgStore := CreateMessageStore(fileSystem, currentDirectory);
    msgStore.Save(id, message1);
    var _ := msgStore.Read(id);
    msgStore.Save(id, expected);
    actual := msgStore.Read(id);
  }

  /** Read-through: a file written directly, never saved through the store, is found. */
  method ReadReadsThroughOnCacheMiss(fileSystem: FileSystem, currentDirectory: string, id: int, expected: string)
    returns (actual: Maybe<string>)
    requires currentDirectory in fileSystem.directories
    modifies fileSystem
    ensures actual == Just(expected)
  {
    var msgStore := CreateMessageStore(fileSystem, currentDirectory);
    var file := msgStore.GetFileInfo(id);
    fileSystem.WriteAllText(file.fullName, expected);
    actual := msgStore.Read(id);
  }

  /** Absence is not cached: a miss followed by a file written behind the
      store's back is seen by the next read. */
  method MissIsNotCached(fileSystem: FileSystem, currentDirectory: string, id: int, later: string)
    returns (first: Maybe<string>, second: Maybe<string>)
    requires currentDirectory in fileSystem.directories
    requires PathOf(currentDirectory, id) !in fileSystem.files
    modifies fileSystem
    ensures first == Nothing && second == Just(later)
  {
    var msgStore := CreateMessageStore(fileSystem, currentDirectory);
    first := msgStore.Read(id);
    var file := msgStore.GetFileInfo(id);
    fileSystem.WriteAllText(file.fullName, later);
    second := msgStore.Read(id);
  }
}
