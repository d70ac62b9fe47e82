/** MessageStore: the façade that forwards each call to exactly one of three
    collaborators given at construction. */
module MessageStores {
  import opened Maybes
  import opened Errors
  import opened Paths
  import opened Disk
  import opened FileStores
  import opened StoreCaches

  /** An `IStoreWriter`: one of the modelled classes that implement it. */
  datatype Writer = FileWriter(store: FileStore) | CacheWriter(cache: StoreCache)

  /** An `IStoreReader`: one of the modelled classes that implement it. */
  datatype Reader = FileReader(store: FileStore) | CacheReader(cache: StoreCache)

  /** The objects a save through `w` may change. */
  function WriterFrame(w: Writer): set<object> {
    match w
    case FileWriter(store) => {store.workingDirectory.fileSystem}
    case CacheWriter(cache) => {cache, cache.writer.workingDirectory.fileSystem}
  }

  /** The objects a read through `r` may change: only a cache's map. */
  function ReaderFrame(r: Reader): set<object> {
    match r
    case FileReader(_) => {}
    case CacheReader(cache) => {cache}
  }

  /** The constructor's argument checks, in the order the source makes them:
      Nothing when all three collaborators are present, else the exception. */
  function CheckCollaborators(writer: Maybe<Writer>, reader: Maybe<Reader>, fileLocator: FileStore?): (e: Maybe<Error>)
    ensures e == Nothing <==> writer.Any() && reader.Any() && fileLocator != null
    ensures e.Any() ==> e.value.ArgumentNull?
    ensures !writer.Any() ==> e == Just(ArgumentNull("writer"))
    ensures writer.Any() && !reader.Any() ==> e == Just(ArgumentNull("reader"))
    ensures writer.Any() && reader.Any() && fileLocator == null ==> e == Just(ArgumentNull("fileLocator"))
  {
    if writer == Nothing then Just(ArgumentNull("writer"))
    else if reader == Nothing then Just(ArgumentNull("reader"))
    else if fileLocator == null then Just(ArgumentNull("fileLocator"))
    else Nothing
  }

  class MessageStore {
    const fileLocator: FileStore
    const writer: Writer
    const reader: Reader

    /** The C# constructor: null checks in order, then the three assignments. */
    static method Create(writer: Maybe<Writer>, reader: Maybe<Reader>, fileLocator: FileStore?)
      returns (r: Result<MessageStore>)
      ensures CheckCollaborators(writer, reader, fileLocator).Any()
              ==> r == Err(CheckCollaborators(writer, reader, fileLocator).value)
      ensures CheckCollaborators(writer, reader, fileLocator) == Nothing
              ==> r.Ok? && fresh(r.value)
                  && r.value.writer == writer.value
                  && r.value.reader == reader.value
                  && r.value.fileLocator == fileLocator
    {
      if writer == Nothing {
        return Err(ArgumentNull("writer"));
      }
      if reader == Nothing {
        return Err(ArgumentNull("reader"));
      }
      if fileLocator == null {
        return Err(ArgumentNull("fileLocator"));
      }
      var store := new MessageStore(writer.value, reader.value, fileLocator);
      return Ok(store);
    }

    constructor (writer: Writer, reader: Reader, fileLocator: FileStore)
      ensures this.writer == writer && this.reader == reader && this.fileLocator == fileLocator
    {
      this.fileLocator := fileLocator;
      this.writer := writer;
      this.reader := reader;
    }

    /** Forwards to the writer; changes nothing the writer does not. */
    method Save(id: int, message: string)
      modifies WriterFrame(writer)
      ensures match writer
        case FileWriter(store) =>
          store.workingDirectory.fileSystem.files
            == SavedFiles(old(store.workingDirectory.fileSystem.files), store.workingDirectory.fullName, id, message)
          && store.workingDirectory.fileSystem.directories == old(store.workingDirectory.fileSystem.directories)
        case CacheWriter(cache) =>
          cache.writer.workingDirectory.fileSystem.files
            == SavedFiles(old(cache.writer.workingDirectory.fileSystem.files), cache.writer.workingDirectory.fullName, id, message)
          && cache.writer.workingDirectory.fileSystem.directories == old(cache.writer.workingDirectory.fileSystem.directories)
          && cache.cache == CacheAfterSave(old(cache.cache), id, message)
    {
      match writer
      case FileWriter(store) => store.Save(id, message);
      case CacheWriter(cache) => cache.Save(id, message);
    }

    /** Returns the reader's result unchanged. */
    method Read(id: int) returns (r: Maybe<string>)
      modifies ReaderFrame(reader)
      ensures match reader
        case FileReader(store) => r == store.Stored(id)
        case CacheReader(cache) =>
          r == CachedRead(old(cache.cache), id, cache.reader.Stored(id))
          && cache.cache == CacheAfterRead(old(cache.cache), id, cache.reader.Stored(id))
    {
      match reader
      case FileReader(store) => r := store.Read(id);
      case CacheReader(cache) => r := cache.Read(id);
    }

    /** Answered by the locator alone, whatever the writer and reader are. */
    function GetFileInfo(id: int): (file: FileInfo)
      ensures file == fileLocator.GetFileInfo(id)
      ensures IdOfPath(fileLocator.workingDirectory.fullName, file.fullName) == Just(id)
    {
      fileLocator.GetFileInfo(id)
    }
  }
}
