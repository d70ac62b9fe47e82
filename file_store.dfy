/** FileStore: the persistence backend, keeping message `id` in the file
    `<workingDirectory>/<id>.txt`. */
module FileStores {
  import opened Maybes
  import opened Errors
  import opened Paths
  import opened Disk

  /** What a read of `id` finds in `files` for a store rooted at `directory`. */
  function StoredMessage(files: map<string, string>, directory: string, id: int): Maybe<string> {
    var path := PathOf(directory, id);
    if path in files then Just(files[path]) else Nothing
  }

  /** The files after saving `message` as `id` under `directory`. */
  function SavedFiles(files: map<string, string>, directory: string, id: int, message: string): map<string, string> {
    files[PathOf(directory, id) := message]
  }

  /** Read-after-write: a read right after a save returns the saved message. */
  lemma ReadAfterSave(files: map<string, string>, directory: string, id: int, message: string)
    ensures StoredMessage(SavedFiles(files, directory, id, message), directory, id) == Just(message)
  {
  }

  /** Save overwrites: a second save of the same id replaces the first entirely. */
  lemma SaveOverwrites(files: map<string, string>, directory: string, id: int, first: string, second: string)
    ensures SavedFiles(SavedFiles(files, directory, id, first), directory, id, second)
         == SavedFiles(files, directory, id, second)
  {
  }

  /** Saving one id leaves what is stored for every other id untouched. */
  lemma SaveLeavesOtherIds(files: map<string, string>, directory: string, id: int, other: int, message: string)
    requires other != id
    ensures StoredMessage(SavedFiles(files, directory, id, message), directory, other)
         == StoredMessage(files, directory, other)
  {
    PathOfInjective(directory, id, other);
  }

  /** The constructor's checks, null first: Nothing when the directory is given and exists. */
  function CheckWorkingDirectory(workingDirectory: DirectoryInfo?): (e: Maybe<Error>)
    reads if workingDirectory == null then {} else {workingDirectory.fileSystem}
    ensures e == Nothing <==> workingDirectory != null && workingDirectory.Exists()
    ensures workingDirectory == null ==> e == Just(ArgumentNull("workingDirectory"))
    ensures workingDirectory != null && !workingDirectory.Exists()
            ==> e == Just(Argument("Boo", "workingDirectory"))
  {
    if workingDirectory == null then Just(ArgumentNull("workingDirectory"))
    else if !workingDirectory.Exists() then Just(Argument("Boo", "workingDirectory"))
    else Nothing
  }

  class FileStore {
    const workingDirectory: DirectoryInfo

    /** The C# constructor: it fails at construction, never at first use, unless
        the directory is given and exists; a FileStore is only ever built on an
        existing directory. */
    static method Create(workingDirectory: DirectoryInfo?) returns (r: Result<FileStore>)
      ensures CheckWorkingDirectory(workingDirectory).Any()
              ==> r == Err(CheckWorkingDirectory(workingDirectory).value)
      ensures CheckWorkingDirectory(workingDirectory) == Nothing
              ==> r.Ok? && fresh(r.value) && r.value.workingDirectory == workingDirectory
    {
      if workingDirectory == null {
        return Err(ArgumentNull("workingDirectory"));
      }
      if !workingDirectory.Exists() {
        return Err(Argument("Boo", "workingDirectory"));
      }
      var store := new FileStore(workingDirectory);
      return Ok(store);
    }

    /** The assignment that follows the checks in the C# constructor. */
    constructor (workingDirectory: DirectoryInfo)
      requires workingDirectory.Exists()
      ensures this.workingDirectory == workingDirectory
    {
      this.workingDirectory := workingDirectory;
    }

    /** The file for message `id`; derived from the id alone, no I/O. */
    function GetFileInfo(id: int): (file: FileInfo)
      ensures IdOfPath(workingDirectory.fullName, file.fullName) == Just(id)
      ensures file.fullName == Combine(workingDirectory.fullName, FileName(id))
    {
      PathRoundTrip(workingDirectory.fullName, id);
      FileInfo(PathOf(workingDirectory.fullName, id))
    }

    /** What a read of `id` returns in the current state of the file system. */
    function Stored(id: int): Maybe<string>
      reads workingDirectory.fileSystem
    {
      StoredMessage(workingDirectory.fileSystem.files, workingDirectory.fullName, id)
    }

    method Save(id: int, message: string)
      modifies workingDirectory.fileSystem
      ensures workingDirectory.fileSystem.files
           == SavedFiles(old(workingDirectory.fileSystem.files), workingDirectory.fullName, id, message)
      ensures workingDirectory.fileSystem.directories == old(workingDirectory.fileSystem.directories)
    {
      var path := GetFileInfo(id).fullName;
      workingDirectory.fileSystem.WriteAllText(path, message);
    }

    method Read(id: int) returns (r: Maybe<string>)
      ensures r.Any() <==> GetFileInfo(id).fullName in workingDirectory.fileSystem.files
      ensures r.Any() ==> r.value == workingDirectory.fileSystem.files[GetFileInfo(id).fullName]
      ensures r == Stored(id)
    {
      var file := GetFileInfo(id);
      var found := workingDirectory.fileSystem.FileExists(file.fullName);
      if !found {
        return Nothing;
      }
      var path := file.fullName;
      var text := workingDirectory.fileSystem.ReadAllText(path);
      return Just(text);
    }
  }
}
