/** The file system FileStore talks to: the .NET `File`, `FileInfo` and
    `DirectoryInfo` calls, reduced to a set of existing directories and a map
    from a file's full path to its text. */
module Disk {

  class FileSystem {
    var directories: set<string>
    var files: map<string, string>

    constructor (directories: set<string>, files: map<string, string>)
      ensures this.directories == directories && this.files == files
    {
      this.directories := directories;
      this.files := files;
    }

    /** `File.WriteAllText`: creates or overwrites the whole file. */
    method WriteAllText(path: string, text: string)
      modifies this
      ensures files == old(files)[path := text]
      ensures directories == old(directories)
    {
      files := files[path := text];
    }

    /** `File.ReadAllText` of a file that exists. */
    method ReadAllText(path: string) returns (text: string)
      requires path in files
      ensures text == files[path]
    {
      text := files[path];
    }

    /** `FileInfo.Exists`. */
    method FileExists(path: string) returns (b: bool)
      ensures b <==> path in files
    {
      b := path in files;
    }
  }

  /** A `DirectoryInfo`: a directory name on a file system, which may or may not exist. */
  class DirectoryInfo {
    const fileSystem: FileSystem
    const fullName: string

    constructor (fileSystem: FileSystem, fullName: string)
      ensures this.fileSystem == fileSystem && this.fullName == fullName
    {
      this.fileSystem := fileSystem;
      this.fullName := fullName;
    }

    /** `DirectoryInfo.Exists`. */
    predicate Exists()
      reads fileSystem
    {
      fullName in fileSystem.directories
    }
  }

  /** A `FileInfo`: the full name of a file; building one performs no I/O. */
  datatype FileInfo = FileInfo(fullName: string)
}
