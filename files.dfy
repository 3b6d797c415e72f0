/** The filesystem as the system sees it: a map from path to text. */
module Files {

  /** The message of the error raised when a file to be read is absent. */
  function NotFound(path: string): string {
    "ENOENT: no such file or directory, open '" + path + "'"
  }

  /** A directory tree whose files are written in place. */
  class Disk {
    var files: map<string, string>

    constructor (files: map<string, string>)
      ensures this.files == files
    {
      this.files := files;
    }

    /** Writes `text` at `path`, replacing whatever was there. */
    method Write(path: string, text: string)
      modifies this
      ensures files == old(files)[path := text]
    {
      files := files[path := text];
    }
  }
}
