/** Deriving the solution directory from the solution's full path, the way
    both command handlers do it: everything before the last backslash. */
module SolutionPath {
  import opened Results

  /** The Windows directory separator the handlers search for. */
  const Backslash: char := '\\'

  /** `String.LastIndexOf(char)`, counted in characters rather than UTF-16
      code units: the index of the last occurrence of `c`, or -1 when `c`
      does not occur. */
  function LastIndexOf(s: string, c: char): (r: int)
    ensures -1 <= r < |s|
    ensures r == -1 <==> c !in s
    ensures 0 <= r ==> s[r] == c && c !in s[r + 1..]
  {
    if |s| == 0 then -1
    else if s[|s| - 1] == c then |s| - 1
    else
      var r := LastIndexOf(s[..|s| - 1], c);
      assert r >= 0 ==> s[r + 1..] == s[..|s| - 1][r + 1..] + [s[|s| - 1]];
      r
  }

  /** `String.Substring(start, length)`, counted in characters rather than
      UTF-16 code units: throws when the range does not lie inside the
      string. */
  function Substring(s: string, start: int, length: int): (r: Result<string>)
    ensures r.Ok? <==> 0 <= start && 0 <= length && start + length <= |s|
    ensures r.Ok? ==> |r.value| == length
    ensures r.Ok? ==> r.value <= s[start..]
  {
    if 0 <= start && 0 <= length && start + length <= |s| then Ok(s[start..start + length])
    else Err(ArgumentOutOfRange)
  }

  /** The solution directory: the substring starting at 0 whose length is
      the index of the last backslash, i.e. the part of the path before its
      last backslash. A path without a backslash makes `Substring(0, -1)`
      throw. */
  function SolutionLocation(fullPath: string): (r: Result<string>)
    ensures r.Err? <==> Backslash !in fullPath
    ensures r.Err? ==> r.error == ArgumentOutOfRange
    ensures r.Ok? ==>
      && |r.value| < |fullPath|
      && fullPath == r.value + [Backslash] + fullPath[|r.value| + 1..]
      && Backslash !in fullPath[|r.value| + 1..]
  {
    Substring(fullPath, 0, LastIndexOf(fullPath, Backslash))
  }

  /** Joining a directory and a backslash-free name, then deriving the
      location, gives the directory back. */
  lemma LocationOfJoin(dir: string, name: string)
    requires Backslash !in name
    ensures SolutionLocation(dir + [Backslash] + name) == Ok(dir)
  {
    var path := dir + [Backslash] + name;
    assert path[|dir|] == Backslash;
    assert path[..|dir|] == dir;
  }

  /** Conversely, every full path the handlers accept is the join of its
      location and a backslash-free file name. */
  lemma JoinOfLocation(fullPath: string)
    requires Backslash in fullPath
    ensures var loc := SolutionLocation(fullPath).value;
            exists name :: Backslash !in name && fullPath == loc + [Backslash] + name
  {
    var loc := SolutionLocation(fullPath).value;
    var name := fullPath[|loc| + 1..];
    assert Backslash !in name && fullPath == loc + [Backslash] + name;
  }
}
