/** The two hook list files and how a handler loads one of them. */
module ScriptLists {
  import opened Results
  import opened SolutionPath

  /** The file system as the handlers see it: a path is present exactly when
      `File.Exists` holds for it, and maps to the lines `StreamReader.ReadLine`
      returns for it, in file order. */
  type FileSystem = map<string, seq<string>>

  const PreListName: string := "pre_build_scripts.txt"
  const PostListName: string := "post_build_scripts.txt"

  /** A list file's path: the solution directory, a backslash, the name. */
  function ListPath(location: string, name: string): string {
    location + [Backslash] + name
  }

  function PreListPath(location: string): string {
    ListPath(location, PreListName)
  }

  function PostListPath(location: string): string {
    ListPath(location, PostListName)
  }

  /** Both list files live directly in the solution directory: deriving a
      location from either list path gives that directory back. */
  lemma ListFilesInSolutionDirectory(location: string)
    ensures SolutionLocation(PreListPath(location)) == Ok(location)
    ensures SolutionLocation(PostListPath(location)) == Ok(location)
  {
    assert Backslash !in PreListName;
    assert Backslash !in PostListName;
    LocationOfJoin(location, PreListName);
    LocationOfJoin(location, PostListName);
  }

  /** No pre-build list path is ever a post-build list path, whatever the
      two directories are; so consulting one never consults the other. */
  lemma ListPathsDistinct(location: string, other: string)
    ensures PreListPath(location) != PostListPath(other)
  {
    // The 21st character from the end is the 'p' of "pre_" in one and the
    // 'o' of "post_" in the other.
    var pre := PreListPath(location);
    var post := PostListPath(other);
    assert pre[|pre| - 21] == 'p';
    assert post[|post| - 21] == 'o';
  }

  /** Loading one list: an absent file is an empty list, a present file is
      its lines, one entry per line, blank lines included. */
  function Load(fs: FileSystem, path: string): seq<string> {
    if path in fs then fs[path] else []
  }

  /** Two file systems that agree on whether `path` exists and, if it does,
      on its lines. */
  predicate SameFile(fs1: FileSystem, fs2: FileSystem, path: string) {
    && (path in fs1 <==> path in fs2)
    && (path in fs1 ==> fs1[path] == fs2[path])
  }
}
