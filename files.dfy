/** The file system the writers create their files in. */
module Files {
  type Path = string

  /** Writing a file twice leaves only the second text. */
  lemma Overwrite(m: map<Path, seq<string>>, p: Path, a: seq<string>, b: seq<string>)
    ensures m[p := a][p := b] == m[p := b]
  {
  }

  /** Every file the writers can see: a path is mapped to the lines of the
      file's text, each line without its trailing newline. */
  class FileStore {
    var files: map<Path, seq<string>>

    constructor (initial: map<Path, seq<string>>)
      ensures files == initial
    {
      files := initial;
    }

    /** `open(path, 'w')`: creates the file, or empties it if it exists. */
    method Open(path: Path)
      modifies this
      ensures files == old(files)[path := []]
    {
      files := files[path := []];
    }

    /** An `f.write` whose text ends the current line (it ends in a newline). */
    method WriteLine(path: Path, line: string)
      requires path in files
      modifies this
      ensures files == old(files)[path := old(files)[path] + [line]]
    {
      files := files[path := files[path] + [line]];
    }
  }
}
