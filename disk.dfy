/**
 * The local disk as the server's code sees it: a map from path to file
 * contents. `os.path.exists`, `open(..., 'w')` and `os.remove` are its
 * operations; `os.remove` of a missing path raises, which `Remove` reports.
 */
module Disk {

  class FileSystem {
    var files: map<string, string>

    constructor (initial: map<string, string>)
      ensures files == initial
    {
      files := initial;
    }

    function Exists(p: string): bool
      reads this
    {
      p in files
    }

    /** Creates or truncates `p` and writes `data` into it. */
    method Write(p: string, data: string)
      modifies this
      ensures files == old(files)[p := data]
    {
      files := files[p := data];
    }

    /** `os.remove`: succeeds exactly when the path exists. */
    method Remove(p: string) returns (removed: bool)
      modifies this
      ensures removed == (p in old(files))
      ensures files == old(files) - {p}
    {
      removed := p in files;
      files := files - {p};
    }
  }
}
