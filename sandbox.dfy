/**
 * The part of the `@webcontainer/api` library the hook relies on, kept
 * abstract: a booted container owns a filesystem whose `mkdir` and
 * `writeFile` may fail. Whether a call fails is decided by the library, so
 * each operation takes that decision as a parameter.
 */
module Sandbox {
  import opened Optional

  /** A value the library throws: an `Error` object carrying a message, or any other value. */
  datatype Thrown = ErrorObject(message: string) | NonError

  /** A filesystem call as the hook issues it. */
  datatype FsOp = MkdirRecursive(path: string) | WriteFile(path: string, content: string)

  /** `instance.fs`: a set of directories and a map from file paths to contents. */
  class FileSystem {
    var dirs: set<string>
    var files: map<string, string>
    /** Every call issued against this filesystem, in order, whether or not it failed. */
    ghost var log: seq<FsOp>

    constructor ()
      ensures dirs == {} && files == map[] && log == []
    {
      dirs, files, log := {}, map[], [];
    }

    /** `fs.mkdir(path, { recursive: true })`; `fault` is what the library throws, if anything. */
    method Mkdir(path: string, fault: Option<Thrown>) returns (failure: Option<Thrown>)
      modifies this
      ensures failure == fault
      ensures log == old(log) + [MkdirRecursive(path)]
      ensures dirs == (if fault.None? then old(dirs) + {path} else old(dirs))
      ensures files == old(files)
    {
      log := log + [MkdirRecursive(path)];
      if fault.None? {
        dirs := dirs + {path};
      }
      failure := fault;
    }

    /** `fs.writeFile(path, content)`; `fault` is what the library throws, if anything. */
    method WriteFile(path: string, content: string, fault: Option<Thrown>) returns (failure: Option<Thrown>)
      modifies this
      ensures failure == fault
      ensures log == old(log) + [FsOp.WriteFile(path, content)]
      ensures files == (if fault.None? then old(files)[path := content] else old(files))
      ensures dirs == old(dirs)
    {
      log := log + [FsOp.WriteFile(path, content)];
      if fault.None? {
        files := files[path := content];
      }
      failure := fault;
    }
  }

  /** A booted `WebContainer`: only its filesystem handle is modelled. */
  class Container {
    const fs: FileSystem

    constructor (fs: FileSystem)
      ensures this.fs == fs
    {
      this.fs := fs;
    }
  }
}
