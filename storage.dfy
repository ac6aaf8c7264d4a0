/**
 * The filesystem as the application sees it through `java.io.File`: a set of
 * existing file paths. Deletion is assumed to succeed.
 */
module Storage {

  class FileStore {
    var files: set<string>

    constructor (files: set<string>)
      ensures this.files == files
    {
      this.files := files;
    }

    /** `File(p).exists()`. */
    method Exists(p: string) returns (b: bool)
      ensures b <==> p in files
    {
      b := p in files;
    }

    /** `File(p).delete()`. */
    method Delete(p: string)
      modifies this
      ensures files == old(files) - {p}
    {
      files := files - {p};
    }
  }
}
