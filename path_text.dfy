/** The path rewriting that every path-taking command applies before it
    quotes the path into R: `path.Replace('\\', '/')`. Inside an R string
    literal a backslash starts an escape, a forward slash is a plain
    character that Windows accepts as a directory separator. */
module PathText {

  function NormalizeChar(c: char): char {
    if c == '\\' then '/' else c
  }

  /** Every backslash replaced by a forward slash, everything else in place. */
  function Normalize(path: string): (r: string)
    ensures |r| == |path|
    ensures forall i :: 0 <= i < |path| ==> r[i] == NormalizeChar(path[i])
    ensures '\\' !in r
  {
    if path == [] then [] else [NormalizeChar(path[0])] + Normalize(path[1..])
  }

  /** Rewriting a second time changes nothing. */
  lemma NormalizeIdempotent(path: string)
    ensures Normalize(Normalize(path)) == Normalize(path)
  {
  }

  /** A path already written with forward slashes is sent as it is. */
  lemma NormalizeFixesSlashPaths(path: string)
    requires '\\' !in path
    ensures Normalize(path) == path
  {
  }

  /** Any character other than the two slashes occurs in the rewritten path
      exactly when it occurs in the original. */
  lemma NormalizeKeepsOtherChars(path: string, c: char)
    requires c != '\\' && c != '/'
    ensures c in Normalize(path) <==> c in path
  {
  }
}
